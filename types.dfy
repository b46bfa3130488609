/**
 * The crawl's data model: the input a crawl is started with (with the
 * validation and defaults its schema applies), the configuration stored in
 * a result, lorem snippets, page results and the crawl result.
 */
module Types {
  import opened Wrappers
  import opened Strings
  import opened Seqs

  datatype Scope = Single | Domain | Subdomains | All

  /** The enum's wire names, which the CSV report also prints. */
  function ScopeName(s: Scope): (r: string)
    ensures ParseScope(r) == Some(s)
  {
    match s
    case Single => "single"
    case Domain => "domain"
    case Subdomains => "subdomains"
    case All => "all"
  }

  /** The scope enum check: only the four names are accepted. */
  function ParseScope(s: string): (r: Option<Scope>)
    ensures r.Some? <==> s == "single" || s == "domain" || s == "subdomains" || s == "all"
  {
    if s == "single" then Some(Single)
    else if s == "domain" then Some(Domain)
    else if s == "subdomains" then Some(Subdomains)
    else if s == "all" then Some(All)
    else None
  }

  lemma ParseScopeInverse(s: string)
    requires ParseScope(s).Some?
    ensures ScopeName(ParseScope(s).value) == s
  {
  }

  const DefaultScope: Scope := Domain
  const DefaultMaxPages: int := 100
  const DefaultMaxDepth: int := 3

  /** A validated crawl input, with every default filled in. */
  datatype CrawlInput = CrawlInput(
    url: string,
    scope: Scope,
    maxPages: int,
    maxDepth: int,
    exclusions: seq<string>,
    aiQuery: Option<string>)

  /** A crawl input as the caller supplies it: every field with a default may be missing. */
  datatype RawCrawlInput = RawCrawlInput(
    url: string,
    scope: Option<string>,
    maxPages: Option<int>,
    maxDepth: Option<int>,
    exclusions: Option<seq<string>>,
    aiQuery: Option<string>)

  /** What the input schema demands: an absolute URL and positive page and depth limits. */
  predicate ValidCrawlInput(i: CrawlInput, isUrl: string -> bool) {
    isUrl(i.url) && i.maxPages > 0 && i.maxDepth > 0
  }

  /**
   * Validation of a raw input against the input schema: a missing field takes
   * its default, a present one must satisfy its constraint, and any violation
   * rejects the whole input.  `isUrl` stands for the schema's URL check.
   */
  function ParseCrawlInput(raw: RawCrawlInput, isUrl: string -> bool): (r: Result<CrawlInput, string>)
    ensures r.Success? <==>
      isUrl(raw.url)
      && (raw.scope.None? || ParseScope(raw.scope.value).Some?)
      && (raw.maxPages.None? || raw.maxPages.value > 0)
      && (raw.maxDepth.None? || raw.maxDepth.value > 0)
    ensures r.Success? ==> ValidCrawlInput(r.value, isUrl) && r.value.url == raw.url
    ensures r.Success? ==> r.value.scope == (if raw.scope.None? then Domain else ParseScope(raw.scope.value).value)
    ensures r.Success? ==> r.value.maxPages == raw.maxPages.GetOr(100)
    ensures r.Success? ==> r.value.maxDepth == raw.maxDepth.GetOr(3)
    ensures r.Success? ==> r.value.exclusions == raw.exclusions.GetOr([])
    ensures r.Success? ==> r.value.aiQuery == raw.aiQuery
  {
    if !isUrl(raw.url) then Failure("url: Invalid url")
    else if raw.scope.Some? && ParseScope(raw.scope.value).None? then Failure("scope: Invalid enum value")
    else if raw.maxPages.Some? && raw.maxPages.value <= 0 then Failure("maxPages: Number must be greater than 0")
    else if raw.maxDepth.Some? && raw.maxDepth.value <= 0 then Failure("maxDepth: Number must be greater than 0")
    else
      Success(CrawlInput(
        raw.url,
        if raw.scope.Some? then ParseScope(raw.scope.value).value else DefaultScope,
        raw.maxPages.GetOr(DefaultMaxPages),
        raw.maxDepth.GetOr(DefaultMaxDepth),
        raw.exclusions.GetOr([]),
        raw.aiQuery))
  }

  /** The configuration stored in a crawl result: the exclusion list becomes one string. */
  datatype CrawlConfig = CrawlConfig(
    url: string,
    scope: Scope,
    maxPages: int,
    maxDepth: int,
    aiQuery: Option<string>,
    exclusions: string)

  predicate ValidCrawlConfig(c: CrawlConfig, isUrl: string -> bool) {
    isUrl(c.url) && c.maxPages > 0 && c.maxDepth > 0
  }

  /** The stored form of the exclusion list: the patterns joined with newlines. */
  function JoinExclusions(xs: seq<string>): string {
    Join(xs, "\n")
  }

  /** How a stored configuration is turned back into a pattern list: split on newlines, empty lines dropped. */
  function SplitExclusions(s: string): (r: seq<string>)
    ensures forall i :: 0 <= i < |r| ==> r[i] != "" && '\n' !in r[i]
  {
    var pieces := Split(s, '\n');
    var r := Filter(pieces, (x: string) => x != "");
    FilterMembers(pieces, (x: string) => x != "");
    assert forall i :: 0 <= i < |r| ==> r[i] in pieces;
    r
  }

  /**
   * Storing an exclusion list and reading it back gives the same list exactly
   * when no pattern is empty and none contains a newline.
   */
  lemma ExclusionsRoundTrip(xs: seq<string>)
    ensures SplitExclusions(JoinExclusions(xs)) == xs <==>
            forall i :: 0 <= i < |xs| ==> xs[i] != "" && '\n' !in xs[i]
  {
    if forall i :: 0 <= i < |xs| ==> xs[i] != "" && '\n' !in xs[i] {
      if xs == [] {
        assert Split("", '\n') == [""];
      } else {
        SplitJoin(xs, '\n');
        FilterMembers(xs, (x: string) => x != "");
      }
    }
  }

  /** The configuration recorded in a crawl result. */
  function ConfigOf(i: CrawlInput): (c: CrawlConfig)
    ensures forall isUrl :: ValidCrawlInput(i, isUrl) ==> ValidCrawlConfig(c, isUrl)
  {
    CrawlConfig(i.url, i.scope, i.maxPages, i.maxDepth, i.aiQuery, JoinExclusions(i.exclusions))
  }

  /** The input a re-run builds from a stored configuration. */
  function InputOf(c: CrawlConfig): CrawlInput {
    CrawlInput(c.url, c.scope, c.maxPages, c.maxDepth, SplitExclusions(c.exclusions), c.aiQuery)
  }

  /** Re-running a stored crawl repeats the original input exactly when its patterns survive the round trip. */
  lemma RerunRoundTrip(i: CrawlInput)
    ensures InputOf(ConfigOf(i)) == i <==>
            forall k :: 0 <= k < |i.exclusions| ==> i.exclusions[k] != "" && '\n' !in i.exclusions[k]
  {
    ExclusionsRoundTrip(i.exclusions);
  }

  /** One occurrence of the placeholder phrase and the rest of its line. */
  datatype LoremSnippet = LoremSnippet(
    contextBefore: string,
    loremText: string,
    contextAfter: string,
    lineNumber: int)

  datatype Status = Clean | Lorem | Error

  function StatusName(s: Status): (r: string)
    ensures ParseStatus(r) == Some(s)
  {
    match s
    case Clean => "clean"
    case Lorem => "lorem"
    case Error => "error"
  }

  function ParseStatus(s: string): (r: Option<Status>)
    ensures r.Some? <==> s == "clean" || s == "lorem" || s == "error"
  {
    if s == "clean" then Some(Clean)
    else if s == "lorem" then Some(Lorem)
    else if s == "error" then Some(Error)
    else None
  }

  datatype PageResult = PageResult(
    id: string,
    url: string,
    status: Status,
    loremCount: int,
    snippets: seq<LoremSnippet>,
    timestamp: string,
    title: string,
    error: Option<string>)

  datatype CrawlSummary = CrawlSummary(
    totalPages: int,
    loremPages: int,
    cleanPages: int,
    totalInstances: int,
    scanTime: string)

  datatype CrawlResult = CrawlResult(
    id: string,
    config: CrawlConfig,
    summary: CrawlSummary,
    pages: seq<PageResult>,
    createdAt: string)
}
