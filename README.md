# Lorem Sleuth crawler, verified model

This project models, in Dafny, the core of Lorem Sleuth. Lorem Sleuth is a website crawler that looks for leftover "lorem ipsum" placeholder text. The model covers five parts:

- **The crawl flow.** It validates the input against its schema. It then runs a single loop over a FIFO queue of `{url, depth}` items and a `visited` set. Each iteration does these steps:
  - it may re-rank the queue with an external prioritiser;
  - it takes the head of the queue and skips it if the URL was visited or is too deep;
  - it fetches the page;
  - it extracts the `<title>`;
  - it scans every line for case-insensitive, non-overlapping "lorem ipsum" matches;
  - it records a page result;
  - it scans the body's `href="…"` values and pushes the in-scope, unvisited, non-excluded links one level deeper.

  The loop stops when the queue is empty or `maxPages` results are recorded. The summary and the scan time are then computed.
- **The data model** of the input, configuration, page and result schemas, with their defaults and constraints.
- **The CSV export** of a crawl result: summary, statistics, detail rows, snippet rows and the top-ten ranking.
- **The results table.** Its state is the filter text, the sort key and the sort order. It has a toggle rule for header clicks, a case-insensitive URL filter, and a comparator used to sort the filtered array in place.
- **The chart data:** the pie counts and the first five lorem pages as bars, labelled by their URL's last path segment.

## Modules

One module per file:

- `wrappers`: `Option` and `Result`.
- `strings`: JavaScript string operations on `seq<char>`.
- `seqs`: `filter`, `slice`, and `Array.prototype.sort` as a stable insertion sort.
- `types`: the schemas.
- `environment`: the oracles for the network, URL parsing, regular expressions, the prioritiser and the clocks.
- `scope`: the scope and exclusion rules.
- `title`: the title extractor.
- `lorem`: the lorem scanner.
- `links`: the link scanner.
- `pages`: the page results.
- `summary`: the summary and the scan time.
- `crawler`: the crawl loop and the flow.
- `csv`: the CSV export.
- `results_table`: the results table.
- `charts`: the chart data.

In every step the crawler is modelled twice and the two are proved equal. The functions (`Crawl`, `ProcessResponse`, `PageLinks`, `Snippets`, `ReportLines` and others) say what a step computes. The methods, with their loops (`CrawlWebsite`, `EnqueueLinks`, `ScanLorem`, `ExportCsv`, `SortInPlace`), do the work the way the source does. Each method's `ensures` ties it to its function, and the lemmas prove what the source promises about that function.

Things outside the program are parameters of the model:

- **Fetch:** `Env.fetch` returns a network failure, or a status with an optional content type and a body.
- **URL parsing:** `Env.parse` is `new URL(s)` and `Env.resolve` is `new URL(href, base)`. Each returns the `href` and the `hostname`, or nothing when the constructor throws.
- **Exclusion patterns:** `Env.regexError` says when a `RegExp` cannot be built, and `Env.matches` says when a pattern matches.
- **The language-model prioritiser:** `Env.prioritize` is any list of URLs, or a failure. It is indexed by the call number, so two calls may answer differently.
- **Timestamps:** `Env.timestamp`, indexed by the page number.
- **The clock:** `Clock` holds the elapsed milliseconds, the `Date.now()` value used in the crawl id, and `createdAt`.
- **Report formatting:** the CSV export takes `toLocaleString` and the `toFixed(2)` percentage as functions.
- **Collation:** the table takes `localeCompare` as a function.

## Model

| member | source | states |
|---|---|---|
| Types.ParseScope | src/lib/types.ts:5-8 | a scope name is accepted exactly when it is one of `single`, `domain`, `subdomains`, `all` |
| Types.ScopeName | src/lib/types.ts:5-8 | every scope's wire name parses back to that scope |
| Types.ParseScopeInverse | src/lib/types.ts:5-8 | every accepted name is the wire name of the scope it parses to |
| Types.ParseCrawlInput | src/lib/types.ts:3-13 | validation succeeds exactly when the URL is a URL, the scope is valid or missing, and `maxPages`/`maxDepth` are positive or missing; on success the missing fields take the defaults `domain`, 100, 3 and `[]`, and the result satisfies the schema |
| Types.ConfigOf | src/lib/types.ts:19-25 | the stored configuration of a valid input is valid, with the exclusion list joined into one string |
| Types.SplitExclusions | src/app/page.tsx:100 | the re-run split yields only non-empty patterns without newlines |
| Types.ExclusionsRoundTrip | src/ai/flows/crawler.ts:175 | splitting the joined exclusion list gives the list back exactly when no pattern is empty or contains a newline |
| Types.RerunRoundTrip | src/app/page.tsx:95-102 | re-running a stored crawl repeats the original input exactly when its patterns survive the round trip |
| Types.StatusName | src/lib/types.ts:40 | every page status has a wire name that parses back to it |
| Types.ParseStatus | src/lib/types.ts:40 | a status name is accepted exactly when it is `clean`, `lorem` or `error` |
| CrawlScope.ScopesNested | src/ai/flows/crawler.ts:127-141 | the scopes are nested: single accepts nothing, each wider scope accepts what a narrower one accepts |
| CrawlScope.SubdomainSuffixExamples | src/ai/flows/crawler.ts:136 | the subdomain test is a plain suffix test: `xa.com` is accepted for `a.com`, while `domain` rejects `b.a.com` |
| CrawlScope.FirstStop | src/ai/flows/crawler.ts:143 | `some` stops at the first pattern that throws or matches; every earlier pattern passes |
| CrawlScope.ExcludedMeaning | src/ai/flows/crawler.ts:143 | the exclusion test is not excluded when every pattern passes; at the first stopping pattern it throws with that pattern's message if the pattern is malformed, and otherwise excludes |
| CrawlScope.NotExcludedMeaning | src/ai/flows/crawler.ts:143 | a URL is cleared by the exclusions exactly when every pattern passes it |
| CrawlScope.AdmitMeaning | src/ai/flows/crawler.ts:118-145 | a link is queued exactly when it resolves, is in scope, is unvisited and passed by every pattern, and it is queued as its resolved `href`; `single` queues nothing; a failure is the message of the first stopping pattern, which is malformed |
| TitleExtractor.LazyClose | src/ai/flows/crawler.ts:80 | the lazy `.*?` stops at the first `</title>` (any case) with no line terminator before it |
| TitleExtractor.FindTitle | src/ai/flows/crawler.ts:80 | the title match found is the leftmost one |
| TitleExtractor.NoMatchNoTitle | src/ai/flows/crawler.ts:81 | without a match the title is `No Title` |
| TitleExtractor.LeftmostFound | src/ai/flows/crawler.ts:80 | the leftmost position where the pattern matches is the one found |
| TitleExtractor.ExtractTitleMeaning | src/ai/flows/crawler.ts:80-81 | the title is the lazy group of the leftmost position where the whole pattern matches: the text after that `<title>` up to the first `</title>` (both in any case), with no line terminator in it and no earlier closing tag; a `<title>` whose text holds a line break before its `</title>` is passed over |
| LoremScanner.NextLoremMeaning | src/ai/flows/crawler.ts:88 | the match found is the leftmost case-insensitive occurrence at or after the resume position, and none means there is none |
| LoremScanner.ScanLine | src/ai/flows/crawler.ts:88-99 | the per-line `matchAll` loop produces the snippets of that line |
| LoremScanner.ScanLorem | src/ai/flows/crawler.ts:83-100 | the scan produces the page's snippets and counts exactly as many matches as snippets |
| LoremScanner.NoSelfOverlap | src/ai/flows/crawler.ts:41 | two occurrences of the phrase cannot overlap, so resuming after a match loses none |
| LoremScanner.SnippetsAtOffsets | src/ai/flows/crawler.ts:88-98 | the `i`-th snippet of a line is cut at the `i`-th match offset |
| LoremScanner.OffsetsIncreasing | src/ai/flows/crawler.ts:88 | the match offsets of a line are strictly increasing |
| LoremScanner.OffsetsComplete | src/ai/flows/crawler.ts:88 | an offset is listed exactly when the phrase occurs there, ignoring case |
| LoremScanner.LineSnippetsComplete | src/ai/flows/crawler.ts:88-98 | one snippet per occurrence in the line, in order, each with the occurrence's offset as the length of its context before |
| LoremScanner.SnippetAtFits | src/ai/flows/crawler.ts:93-96 | a snippet reassembles its line: `contextBefore + loremText + contextAfter == line`, and `loremText` is the phrase in some casing |
| LoremScanner.LineSnippetsShape | src/ai/flows/crawler.ts:92-97 | every snippet of a line carries that line's number and reassembles the line |
| LoremScanner.SnippetsShape | src/ai/flows/crawler.ts:83-100 | every snippet of a body has a 1-based line number into `html.split('\n')` and reassembles that line |
| LoremScanner.LinesShape | src/ai/flows/crawler.ts:87-100 | the snippets of the first `n` lines have line numbers from 1 to `n` and reassemble their lines |
| LoremScanner.NoPhraseNoSnippets | src/ai/flows/crawler.ts:83-100 | a body with no occurrence on any line has no snippets |
| LinkScanner.HrefMatchShape | src/ai/flows/crawler.ts:114 | a link match reads `href="`, a non-empty value without `"`, then `"` |
| LinkScanner.HrefMatchComplete | src/ai/flows/crawler.ts:114 | wherever that text can be read, it is the match at that position |
| LinkScanner.NextHrefMeaning | src/ai/flows/crawler.ts:116 | `exec` finds the leftmost match at or after `lastIndex`, and none means there is none |
| LinkScanner.ScanLinksShape | src/ai/flows/crawler.ts:116-146 | the link scan only appends to the queue; each appended item is one level deeper, is the resolved `href` of a value captured on the page whose host is in scope, is unvisited and is passed by every pattern; `single` appends nothing and cannot fail |
| LinkScanner.EnqueueLinks | src/ai/flows/crawler.ts:113-147 | the `exec` loop produces the queue and the failure of the link-scan function |
| LinkScanner.QueueNotConsulted | src/ai/flows/crawler.ts:143-144 | the scan never looks at the queue, so the same URL can be queued twice |
| LinkScanner.ScanWithoutExclusions | src/ai/flows/crawler.ts:118-145 | with no exclusion patterns nothing throws, and exactly the values that resolve into scope and are unvisited are pushed, in order |
| PageBuilder.PageIdInjective | src/ai/flows/crawler.ts:103 | distinct page numbers give distinct ids `page_n` |
| PageBuilder.StatusOf | src/ai/flows/crawler.ts:105 | a scanned page is `lorem` exactly when its count is positive, and never `error` |
| PageBuilder.SuccessPage | src/ai/flows/crawler.ts:102-110 | a scanned page is well formed, carries no error, and has the id and URL it was built for |
| PageBuilder.ErrorPage | src/ai/flows/crawler.ts:148-159 | an error page is well formed, has status `error` and the thrown message, and has the id and URL it was built for |
| PageBuilder.SuccessPageMeaning | src/ai/flows/crawler.ts:80-110 | a scanned page has the extracted title, is `lorem` exactly when it has snippets, and each snippet reassembles its line |
| PageBuilder.BuildPage | src/ai/flows/crawler.ts:80-110 | title extraction and the scan build the page result of a scanned body |
| Summary.CountStatusSnoc | src/ai/flows/crawler.ts:167-168 | counting one more page adds one to its own status's count only |
| Summary.StatusAccounting | src/ai/flows/crawler.ts:167-168 | the lorem, clean and error counts add up to the number of pages |
| Summary.InstancesAndLoremPages | src/ai/flows/crawler.ts:169 | over well-formed pages the occurrence total is at least the number of lorem pages, and zero exactly when there are none |
| Summary.ScanTimeParts | src/ai/flows/crawler.ts:165 | the scan time shows the whole minutes and the leftover whole seconds of the elapsed time |
| Summary.SummaryMeaning | src/ai/flows/crawler.ts:167-182 | `totalPages` is the page count; lorem plus clean pages are at most that, with the error pages as the remainder; the instance total is at least the lorem-page count, and zero exactly when it is |
| Crawler.Reprioritize | src/ai/flows/crawler.ts:47-54 | re-ranking keeps the queue length |
| Crawler.ReprioritizeMeaning | src/ai/flows/crawler.ts:47-54 | re-ranking only permutes the queue; it runs only with a non-empty query and more than one item; a prioritiser failure leaves the queue alone; otherwise it is the stable sort by index in the prioritiser's answer |
| Crawler.AbsentMovesToFront | src/ai/flows/crawler.ts:50 | URLs missing from the prioritiser's answer (index −1) end up ahead of every listed one |
| Crawler.ProcessResponse | src/ai/flows/crawler.ts:68-159 | handling a fetch records either no page and leaves the queue alone, or records one well-formed page with the next id and the item's URL |
| Crawler.HtmlOutcome | src/ai/flows/crawler.ts:79-147 | a scanned body always records a well-formed page with the next id and the item's URL |
| Crawler.ProcessResponseQueue | src/ai/flows/crawler.ts:113-146 | handling a fetch only appends items one level deeper, each the in-scope resolution of a link captured on the fetched page, unvisited and not excluded; it appends none at the depth limit or in a single-page crawl |
| Crawler.HtmlOutcomeQueue | src/ai/flows/crawler.ts:113-146 | the same queue facts for a scanned body, with the links captured on that body |
| Crawler.HttpErrorPage | src/ai/flows/crawler.ts:70-72 | a status that is not ok gives an error page `HTTP error! status: N` and scans no links |
| Crawler.MalformedPatternErrorPage | src/ai/flows/crawler.ts:143-159 | a malformed exclusion pattern turns the page into an error page with the pattern's message, while the links pushed before it stay queued |
| Crawler.NonHtmlStaysVisited | src/ai/flows/crawler.ts:64-76 | a body that is not HTML records nothing and adds no links, but its URL stays visited, so it is skipped when it comes up again |
| Crawler.Step | src/ai/flows/crawler.ts:44-161 | every iteration records a page or shrinks the queue (the loop's termination measure) |
| Crawler.FetchPage | src/ai/flows/crawler.ts:68-159 | the fetch-and-scan code computes the outcome function |
| Crawler.Iterate | src/ai/flows/crawler.ts:45-160 | one loop iteration in place computes the step function |
| Crawler.VisitHead | src/ai/flows/crawler.ts:56-160 | the `shift`, the skip test and the fetch compute the visit function on the rest of the queue |
| Crawler.CrawlWebsite | src/ai/flows/crawler.ts:34-187 | the flow succeeds exactly when the input validates and its URL parses; the result is built from the pages of the crawl function and holds at most `maxPages` pages |
| Crawler.InitialInv | src/ai/flows/crawler.ts:36-38 | the initial state, with the seed at depth 0, satisfies the loop invariant |
| Crawler.ByRankKeyed | src/ai/flows/crawler.ts:50 | the re-ranking comparator is the difference of the `indexOf` ranks |
| Crawler.DepthSkipNeverFires | src/ai/flows/crawler.ts:61 | under the invariant the head of the queue is never deeper than `maxDepth` |
| Crawler.ReprioritizeInv | src/ai/flows/crawler.ts:47-54 | re-ranking keeps the loop invariant |
| Crawler.VisitInv | src/ai/flows/crawler.ts:56-160 | handling the head of the queue keeps the loop invariant |
| Crawler.FetchInv | src/ai/flows/crawler.ts:64-160 | fetching the unvisited head keeps the invariant: page ids in order, well-formed pages, distinct page URLs, each URL fetched once, queue depths within the limit |
| Crawler.FetchedOnce | src/ai/flows/crawler.ts:61-64 | marking a URL visited just before fetching it keeps every URL fetched at most once |
| Crawler.PagesKept | src/ai/flows/crawler.ts:102-160 | recording the next page of an unvisited URL keeps the ids in order and the page URLs distinct |
| Crawler.StepInv | src/ai/flows/crawler.ts:44-161 | each iteration keeps the loop invariant |
| Crawler.CrawlInv | src/ai/flows/crawler.ts:44 | the loop ends with the invariant, and only when the queue is empty or exactly `maxPages` pages are recorded |
| Crawler.ReprioritizeTraced | src/ai/flows/crawler.ts:47-54 | re-ranking keeps every queued URL traced to the seed or a link found on a fetched page |
| Crawler.AdmissibleLinked | src/ai/flows/crawler.ts:118-145 | a link the scan of a page admits is linked from that page: the in-scope resolution of a value captured there |
| Crawler.VisitTraced | src/ai/flows/crawler.ts:56-160 | handling the head of the queue keeps every queued URL and every page URL traced |
| Crawler.FetchTraced | src/ai/flows/crawler.ts:64-160 | fetching the head keeps the tracing, for any outcome that appends only links of the fetched page |
| Crawler.CrawlTraced | src/ai/flows/crawler.ts:44-161 | the loop ends in a traced state |
| Crawler.CrawledPagesReached | src/ai/flows/crawler.ts:118-145 | every recorded page is the seed or the in-scope resolution of a link captured on a visited page whose response was successful HTML; in a `domain` crawl that link resolved to the seed's host name |
| Crawler.CrawlResultMeaning | src/ai/flows/crawler.ts:34-187 | the result has at most `maxPages` pages and at most 1 in a single-page crawl; ids are `page_1..page_n`; pages are well formed with distinct URLs; no URL is fetched twice; the config and the summary counts agree with the pages |
| CsvReport.EscapeRoundTrip | src/components/layout/header.tsx:87 | doubling quotes loses nothing: a CSV reader reads the original text back |
| CsvReport.EscapeWithoutQuotes | src/components/layout/header.tsx:87 | a text without `"` is left as it is |
| CsvReport.DetailRows | src/components/layout/header.tsx:81-92 | one detail row per page |
| CsvReport.DetailRowsMeaning | src/components/layout/header.tsx:81-92 | row `i` has 7 fields: number `i+1`, the URL quoted but not escaped, the title that reads back from its escaped field, and an error field that is empty exactly when there is no (non-empty) message and otherwise reads back to that message |
| CsvReport.PageSnippetRows | src/components/layout/header.tsx:102-111 | one snippet row per snippet of the page |
| CsvReport.SnippetRowMeaning | src/components/layout/header.tsx:102-110 | snippet row `j` of a page has 5 fields: the URL quoted but not escaped, the line number, the context before cut to its first 50 characters, the lorem text and the context after cut likewise, each of the three reading back from its escaped field |
| CsvReport.SnippetSectionPresence | src/components/layout/header.tsx:95-96 | the snippet section appears exactly when some page is `lorem` with snippets |
| CsvReport.ByCountKeyed | src/components/layout/header.tsx:121 | the ranking comparator is the difference of the negated counts |
| CsvReport.RankedPermutation | src/components/layout/header.tsx:119-120 | the ranked pages are the pages with occurrences, as a multiset, and each has occurrences |
| CsvReport.RankedNonIncreasing | src/components/layout/header.tsx:121 | the ranked pages run by non-increasing count |
| CsvReport.RankedStable | src/components/layout/header.tsx:121 | pages with equal counts keep their page order |
| CsvReport.RankedMeaning | src/components/layout/header.tsx:119-121 | the ranked pages are a permutation of the pages with occurrences, by non-increasing count, with ties in page order |
| CsvReport.TopPagesMeaning | src/components/layout/header.tsx:119-122 | at most ten pages are listed, all with occurrences, by non-increasing count |
| CsvReport.TopPagesRest | src/components/layout/header.tsx:119-122 | no page left out has a higher count than a listed one; together the listed and the left-out pages are exactly the pages with occurrences |
| CsvReport.TopRows | src/components/layout/header.tsx:124-126 | one ranking row per listed page |
| CsvReport.NoPagesZeroPercent | src/components/layout/header.tsx:71-74 | with no pages scanned the percentage line is `Lorem Percentage,0%` |
| CsvReport.PushSummary | src/components/layout/header.tsx:51-63 | the pushes append the title, summary and configuration lines |
| CsvReport.PushStatistics | src/components/layout/header.tsx:65-75 | the pushes append the statistics lines |
| CsvReport.PushDetails | src/components/layout/header.tsx:77-92 | the heading and the `forEach` append the detail section |
| CsvReport.PushSnippets | src/components/layout/header.tsx:94-113 | the snippet section is appended only when some page has snippets |
| CsvReport.PushSnippetRows | src/components/layout/header.tsx:101-112 | the nested `forEach` appends every snippet row of every listed page, in order |
| CsvReport.PushTop | src/components/layout/header.tsx:115-126 | the heading and the ranking rows are appended |
| CsvReport.PushTopRows | src/components/layout/header.tsx:124-126 | the `forEach` appends one row per ranked page, ranked from 1 |
| CsvReport.ExportCsv | src/components/layout/header.tsx:45-129 | no result gives no CSV; otherwise the report lines, in the fixed section order, joined with newlines |
| ResultsTable.StatusVariant | src/components/dashboard/results-table.tsx:69-80 | the badge variant of a status is never the `outline` default |
| ResultsTable.StatusVariantInjective | src/components/dashboard/results-table.tsx:69-80 | distinct statuses get distinct badges (`destructive`, `default`, `secondary`) |
| ResultsTable.TableState.constructor | src/components/dashboard/results-table.tsx:33-35 | the initial state has an empty filter and sorts by `loremCount`, descending |
| ResultsTable.TableState.SetFilter | src/components/dashboard/results-table.tsx:33 | typing changes the filter only |
| ResultsTable.TableState.HandleSort | src/components/dashboard/results-table.tsx:37-44 | a click moves the state as the click rule says and leaves the filter alone |
| ResultsTable.TableState.FilteredAndSorted | src/components/dashboard/results-table.tsx:46-67 | the memo computes the filtered rows, sorted in place unless the key is empty |
| ResultsTable.AfterClickMeaning | src/components/dashboard/results-table.tsx:37-44 | the clicked key becomes current; the same key flips the order (two clicks restore it); a new key starts descending |
| ResultsTable.FilteredMeaning | src/components/dashboard/results-table.tsx:47-49 | a page is kept exactly when its lower-cased URL contains the lower-cased filter text; order is kept; an empty filter keeps every page |
| ResultsTable.ShownPermutation | src/components/dashboard/results-table.tsx:51-53 | the rows are a permutation of the filtered pages, and are the filtered pages themselves under the empty key |
| ResultsTable.DescendingReversesAscending | src/components/dashboard/results-table.tsx:57-64 | descending compares a pair as ascending compares it reversed, when `localeCompare` is antisymmetric |
| ResultsTable.CompareKeyed | src/components/dashboard/results-table.tsx:57-64 | on a field whose values are of one kind, and with a `localeCompare` whose sign agrees with a rank of the strings, the comparator is negative, zero or positive exactly as the (negated, when descending) ranks compare, so it orders the rows as those ranks do |
| ResultsTable.SignCollates | src/components/dashboard/results-table.tsx:62 | a comparison answering only `-1`, `0` or `1` by a rank meets that assumption |
| ResultsTable.ShownOrdered | src/components/dashboard/results-table.tsx:53-65 | sorted on such a field with such a `localeCompare`, the rows run by non-decreasing (ascending) or non-increasing (descending) rank, with equal ranks in page order |
| ResultsTable.InsertInPlace | src/components/dashboard/results-table.tsx:53 | one insertion pass in place inserts the next element into the sorted prefix |
| ResultsTable.ShiftGreater | src/components/dashboard/results-table.tsx:53 | the shifting loop moves the out-of-order part of the prefix one slot to the right |
| ResultsTable.SortInPlace | src/components/dashboard/results-table.tsx:53 | sorting the array in place leaves the stable insertion sort of its old contents |
| CrawlCharts.UrlTail | src/components/dashboard/crawl-charts.tsx:24 | the tail is the suffix after the last `/` (the whole URL when there is none) and holds no `/` |
| CrawlCharts.BarLabel | src/components/dashboard/crawl-charts.tsx:24 | the label is the tail cut to 20 characters, or `Homepage` when the tail is empty; it is never empty and at most 20 characters long |
| CrawlCharts.PieDataMeaning | src/components/dashboard/crawl-charts.tsx:13-19 | the pie has exactly two slices, clean then lorem, valued by the two counts, with the error pages as the remainder |
| CrawlCharts.BarDataMeaning | src/components/dashboard/crawl-charts.tsx:21-27 | the bars are the first five lorem pages with occurrences, in crawl order; each bar counts its page's occurrences and is labelled after its URL |
| CrawlCharts.BarsAreFirstNotTop | src/components/dashboard/crawl-charts.tsx:27 | once five pages are charted, later pages never get a bar whatever their counts: first five, not top five |
| CrawlCharts.ChartedAreLoremPages | src/components/dashboard/crawl-charts.tsx:14-22 | over well-formed pages the charted pages are the lorem pages, so there are as many bars as lorem pages, up to five |

## Left out

- HTTP, URL parsing, regular-expression matching, the language-model prioritiser, clocks, `toLocaleString`, the `toFixed(2)` percentage and `localeCompare` are parameters of the model, as listed above. Their own behaviour (WHATWG URL rules, `RegExp` semantics, dates, floating point, locale collation) is not modelled.
- `response.text()` failing after a good response is not modelled. It would reach the same error page as any other throw.
- One `Env.timestamp(n)` reading is used for page `n` whether it is built as a scanned page or as an error page.
- The elapsed time is a `nat`. A clock that runs backwards is not modelled.
- ResultsTable.Compare: `localeCompare` is a parameter. The ordering lemmas assume only that its sign agrees with some rank of the strings (negative exactly when the first ranks lower, zero exactly when both rank the same), as for a `localeCompare` answering `-1`, `0` or `1` under a total collation order. JavaScript's `-0` and the result of sorting with an inconsistent comparator are not modelled.
- `Array.prototype.sort` is modelled as a stable insertion sort (`Seqs.SortWith`). The standard fixes the result only for consistent comparators; the model fixes one particular result for the rest.
- ResultsTable.FilteredMeaning: lower-casing is ASCII only. JavaScript's full Unicode `toLowerCase` is not modelled.
- The lorem and title patterns also ignore case in ASCII only.
- CsvReport.SnippetFields and CrawlCharts.BarLabel: lengths are counted in Unicode scalar values (Dafny `char`), not in UTF-16 code units as JavaScript's `substring` counts. For text outside the Basic Multilingual Plane the 50- and 20-character cuts keep more text than the source, and the model never splits a surrogate pair.
- The flow's output-schema check (`url()` and `datetime()` on the result, src/ai/flows/crawler.ts:32) is not modelled; it holds only when `Env.resolve` yields valid URLs and `Env.timestamp` ISO dates. `isUrl` (zod's `.url()`) and `Env.parse` (`new URL`) are independent parameters, so the model keeps an `InvalidUrl` failure of `CrawlWebsite` that the source cannot reach. `ParseCrawlInput` reports a short message naming only the first failing field, where zod lists every issue.
- Crawler.CrawledPagesReached: the linking page is only said to be a visited page with a successful HTML response, not also one below `maxDepth` (src/ai/flows/crawler.ts:113); `ProcessResponseQueue` states the depth bound per step.
- Crawler.CrawledPagesReached: the host name of a queued URL is the one `Env.resolve` reported for the link; the model does not relate it to `Env.parse` of that URL, so scope is stated for the link that queued a page, not re-derived from the page's URL.
- The link scanner takes every `href="…"` value as written. HTML entity decoding is not part of the source and is not modelled either.
- React rendering, the sort icons, the dialog of snippets, the download, the JSON export, the toasts and local storage are not modelled.
- Concurrency is not modelled. The source has none: every `await` runs in sequence.
- Quirks kept as the source behaves, not fixed:
  - the subdomain scope is a plain suffix test;
  - the content-type test is a substring test;
  - a malformed exclusion pattern turns the page into an error page and keeps the links pushed before it;
  - a skipped non-HTML URL stays visited;
  - the queue can hold the same URL twice;
  - a URL missing from the prioritiser's answer moves to the front;
  - the bar chart shows the first five lorem pages, not the top five;
  - in the CSV, URLs are quoted but not escaped, so a URL containing `"` breaks its row.
